/** The parser for the test format of optimizer key-range constraints, such as
    `/1/2/3: [/1 - /2] [/5 - /6)`: a path of ordering-column ids, `": "`, and
    space-separated spans, each a bracket, a start key, `" - "`, an end key and
    a bracket. Keys are paths of `NULL` or integer tokens.

    Each stage is a function. The stages that loop in the Go code
    (`parseIntPath`, `parseDatumPath`, `parseSpans`, `ParseConstraint`) are
    also methods with those loops, each proved to compute its stage's
    function. A panic of the Go code is an `Err` here. */
module TestUtils {
  import opened Outcomes
  import opened Strings
  import opened Atoi
  import opened ConstraintModel

  /** `parsePath`: `""` is the empty path; otherwise the text must start with
      `/`, and the tokens are the pieces between the slashes. */
  function ParsePath(str: string): (r: Result<seq<string>>)
    ensures str == "" ==> r == Ok([])
    ensures r.Err? <==> str != "" && str[0] != '/'
    ensures r.Err? ==> r.error == Malformed(str)
  {
    if str == "" then Ok([])
    else if str[0] != '/' then Err(Malformed(str))
    else Ok(Split(str, "/")[1..])
  }

  /** The tokens of a path: one per `/` of the text, none holding a `/`. */
  lemma ParsePathTokens(str: string)
    requires ParsePath(str).Ok?
    ensures |ParsePath(str).value| == multiset(str)['/']
    ensures forall i :: 0 <= i < |ParsePath(str).value| ==> '/' !in ParsePath(str).value[i]
  {
    if str != "" {
      SplitChar(str, '/');
      IndexAfter("", "/", str[1..]);
      assert "" + "/" + str[1..] == str;
      assert Split(str, "/")[0] == "";
    }
  }

  /** One token of `parseIntPath`: an integer as `strconv.Atoi` reads it. */
  function IntToken(tok: string): (r: Result<int>)
    ensures r.Ok? <==> IsIntLiteral(tok)
    ensures r.Ok? ==> ParseInt(tok) == Some(r.value)
    ensures r.Err? ==> r.error == NotAnInteger(tok)
  {
    match ParseInt(tok)
    case Some(v) => Ok(v)
    case None => Err(NotAnInteger(tok))
  }

  /** One token of `parseDatumPath`: `NULL`, or else an integer. */
  function DatumToken(tok: string): (r: Result<Datum>)
    ensures r == Ok(DNull) <==> tok == "NULL"
    ensures r.Ok? <==> tok == "NULL" || IsIntLiteral(tok)
    ensures IsIntLiteral(tok) ==> r == Ok(DInt(ParseInt(tok).value))
    ensures r.Err? ==> r.error == NotAnInteger(tok)
  {
    if tok == "NULL" then Ok(DNull)
    else
      match IntToken(tok)
      case Ok(v) => Ok(DInt(v))
      case Err(e) => Err(e)
  }

  /** What `parseIntPath` computes: the path's tokens, each read as an
      integer, in order; or the first error. */
  function IntPath(str: string): (r: Result<seq<int>>)
    ensures str != "" && str[0] != '/' ==> r == Err(Malformed(str))
    ensures r.Ok? ==> ParsePath(str).Ok? && |r.value| == |ParsePath(str).value|
  {
    match ParsePath(str)
    case Err(e) => Err(e)
    case Ok(toks) => Collect(toks, IntToken)
  }

  /** What `parseDatumPath` computes: the path's tokens, each read as `NULL`
      or an integer, in order; or the first error. */
  function DatumPath(str: string): (r: Result<seq<Datum>>)
    ensures str != "" && str[0] != '/' ==> r == Err(Malformed(str))
    ensures r.Ok? ==> ParsePath(str).Ok? && |r.value| == |ParsePath(str).value|
  {
    match ParsePath(str)
    case Err(e) => Err(e)
    case Ok(toks) => Collect(toks, DatumToken)
  }

  /** `parseIntPath` succeeds exactly when the path is well formed and every
      token is an integer literal; it keeps the number and the order of the
      tokens. */
  lemma IntPathMeaning(str: string)
    ensures IntPath(str).Ok? <==>
              ParsePath(str).Ok? && forall i :: 0 <= i < |ParsePath(str).value| ==> IsIntLiteral(ParsePath(str).value[i])
    ensures IntPath(str).Ok? ==> |IntPath(str).value| == |ParsePath(str).value|
    ensures IntPath(str).Ok? ==>
              forall i :: 0 <= i < |IntPath(str).value| ==> ParseInt(ParsePath(str).value[i]) == Some(IntPath(str).value[i])
  {
    if ParsePath(str).Ok? {
      CollectMeaning(ParsePath(str).value, IntToken);
    }
  }

  /** `parseDatumPath` succeeds exactly when the path is well formed and every
      token is `NULL` or an integer literal; it keeps the number and the
      order of the tokens, reading `NULL` as the NULL datum. */
  lemma DatumPathMeaning(str: string)
    ensures DatumPath(str).Ok? <==>
              ParsePath(str).Ok? && forall i :: 0 <= i < |ParsePath(str).value| ==>
                                     ParsePath(str).value[i] == "NULL" || IsIntLiteral(ParsePath(str).value[i])
    ensures DatumPath(str).Ok? ==> |DatumPath(str).value| == |ParsePath(str).value|
    ensures DatumPath(str).Ok? ==>
              forall i :: 0 <= i < |DatumPath(str).value| ==> DatumToken(ParsePath(str).value[i]) == Ok(DatumPath(str).value[i])
  {
    if ParsePath(str).Ok? {
      CollectMeaning(ParsePath(str).value, DatumToken);
    }
  }

  /** `parseIntPath`: the loop that reads each path token with `strconv.Atoi`. */
  method ParseIntPath(str: string) returns (r: Result<seq<int>>)
    ensures r == IntPath(str)
  {
    var path := ParsePath(str);
    if path.Err? {
      return Err(path.error);
    }
    var toks := path.value;
    var res: seq<int> := [];
    var i := 0;
    while i < |toks|
      invariant 0 <= i <= |toks|
      invariant Collect(toks[..i], IntToken) == Ok(res)
    {
      var val := IntToken(toks[i]);
      if val.Err? {
        CollectFirstError(toks, IntToken, i);
        return Err(val.error);
      }
      CollectExtend(toks, IntToken, i, res);
      res := res + [val.value];
      i := i + 1;
    }
    assert toks[..i] == toks;
    return Ok(res);
  }

  /** `parseDatumPath`: the loop that reads each key token as `NULL` or an
      integer. */
  method ParseDatumPath(str: string) returns (r: Result<seq<Datum>>)
    ensures r == DatumPath(str)
  {
    var path := ParsePath(str);
    if path.Err? {
      return Err(path.error);
    }
    var toks := path.value;
    var res: seq<Datum> := [];
    var i := 0;
    while i < |toks|
      invariant 0 <= i <= |toks|
      invariant Collect(toks[..i], DatumToken) == Ok(res)
    {
      if toks[i] == "NULL" {
        CollectExtend(toks, DatumToken, i, res);
        res := res + [DNull];
        i := i + 1;
        continue;
      }
      var val := IntToken(toks[i]);
      if val.Err? {
        CollectFirstError(toks, DatumToken, i);
        return Err(val.error);
      }
      CollectExtend(toks, DatumToken, i, res);
      res := res + [DInt(val.value)];
      i := i + 1;
    }
    assert toks[..i] == toks;
    return Ok(res);
  }

  /** The boundary each bracket character stands for. */
  const Boundary: map<char, SpanBoundary> :=
    map['[' := IncludeBoundary, ']' := IncludeBoundary,
        '(' := ExcludeBoundary, ')' := ExcludeBoundary]

  /** `parseSpan`: at least the five characters of `"[ - ]"`, an opening `[`
      or `(`, a closing `]` or `)`, and between them exactly two keys
      separated by `" - "`. The two boundaries are read independently. */
  function ParseSpan(str: string): (r: Result<Span>)
    ensures |str| < |"[ - ]"| ==> r == Err(Malformed(str))
    ensures 0 < |str| && (str[0] !in "[(" || str[|str| - 1] !in "])") ==> r == Err(Malformed(str))
    ensures r.Ok? ==> 5 <= |str| && str[0] in "[(" && str[|str| - 1] in "])"
    ensures r.Ok? ==> r.value.startBoundary == (if str[0] == '[' then IncludeBoundary else ExcludeBoundary)
    ensures r.Ok? ==> r.value.endBoundary == (if str[|str| - 1] == ']' then IncludeBoundary else ExcludeBoundary)
  {
    if |str| < |"[ - ]"| then Err(Malformed(str))
    else
      var s, e := str[0], str[|str| - 1];
      if (s != '[' && s != '(') || (e != ']' && e != ')') then Err(Malformed(str))
      else
        var keys := Split(str[1..|str| - 1], " - ");
        if |keys| != 2 then Err(Malformed(str))
        else
          match DatumPath(keys[0])
          case Err(err) => Err(err)
          case Ok(startVals) =>
            match DatumPath(keys[1])
            case Err(err) => Err(err)
            case Ok(endVals) =>
              Ok(Span(Key(startVals), Boundary[s], Key(endVals), Boundary[e]))
  }

  /** Between the brackets there must be exactly two pieces around `" - "`;
      they are the start and the end key paths, read independently. */
  lemma ParseSpanKeys(str: string)
    requires 5 <= |str| && str[0] in "[(" && str[|str| - 1] in "])"
    ensures |Split(str[1..|str| - 1], " - ")| != 2 ==> ParseSpan(str) == Err(Malformed(str))
    ensures ParseSpan(str).Ok? <==>
              var keys := Split(str[1..|str| - 1], " - ");
              |keys| == 2 && DatumPath(keys[0]).Ok? && DatumPath(keys[1]).Ok?
    ensures ParseSpan(str).Ok? ==>
              var keys := Split(str[1..|str| - 1], " - ");
              ParseSpan(str).value.start == Key(DatumPath(keys[0]).value)
              && ParseSpan(str).value.end == Key(DatumPath(keys[1]).value)
    ensures var keys := Split(str[1..|str| - 1], " - ");
            |keys| == 2 && DatumPath(keys[0]).Err? ==> ParseSpan(str) == Err(DatumPath(keys[0]).error)
    ensures var keys := Split(str[1..|str| - 1], " - ");
            |keys| == 2 && DatumPath(keys[0]).Ok? && DatumPath(keys[1]).Err? ==>
              ParseSpan(str) == Err(DatumPath(keys[1]).error)
  {
  }

  /** The text of the i-th span of a token list: tokens `3i`, `3i+1` and
      `3i+2` joined by single spaces. */
  function Group(s: seq<string>, i: nat): string
    requires 3 * i + 3 <= |s|
  {
    Join(s[3 * i..3 * i + 3], " ")
  }

  /** The texts of all spans of a token list. */
  function Groups(s: seq<string>): (g: seq<string>)
    ensures |g| == |s| / 3
    ensures forall i :: 0 <= i < |g| ==> 3 * i + 3 <= |s| && g[i] == Group(s, i)
  {
    seq(|s| / 3, i requires 0 <= i < |s| / 3 => Group(s, i))
  }

  /** Grouping loses, adds and reorders no piece: the span texts, joined by
      single spaces, are the pieces joined by single spaces. */
  lemma {:induction false} GroupsJoin(s: seq<string>)
    requires 0 < |s| && |s| % 3 == 0
    ensures Join(Groups(s), " ") == Join(s, " ")
    decreases |s|
  {
    var g := Groups(s);
    if |s| == 3 {
      assert g == [Group(s, 0)];
      assert s[0..3] == s;
    } else {
      var rest := s[3..];
      var h := Groups(rest);
      forall i | 0 <= i < |h| ensures h[i] == g[i + 1] {
        assert rest[3 * i..3 * i + 3] == s[3 * (i + 1)..3 * (i + 1) + 3];
      }
      assert g == [Group(s, 0)] + h;
      GroupsJoin(rest);
      JoinAppend([Group(s, 0)], h, " ");
      assert s[..3] == s[0..3];
      JoinAppend(s[..3], rest, " ");
      assert s == s[..3] + rest;
    }
  }

  /** What `parseSpans` computes: no spans for `""`; otherwise the text is cut
      at single spaces, the number of pieces must be a multiple of three, and
      the spans are parsed from the runs of three pieces. */
  function SpansOf(str: string): (r: Result<seq<Span>>)
    ensures str == "" ==> r == Ok([])
    ensures str != "" && |Split(str, " ")| % 3 != 0 ==> r == Err(Malformed(str))
  {
    if str == "" then Ok([])
    else
      var s := Split(str, " ");
      if |s| % 3 != 0 then Err(Malformed(str))
      else Collect(Groups(s), ParseSpan)
  }

  /** When the pieces come in runs of three, `parseSpans` succeeds exactly
      when every run parses, and then it holds one span per run, in order. */
  lemma SpansOfMeaning(str: string)
    requires str != "" && |Split(str, " ")| % 3 == 0
    ensures SpansOf(str).Ok? <==>
              forall i :: 0 <= i < |Split(str, " ")| / 3 ==> ParseSpan(Group(Split(str, " "), i)).Ok?
    ensures SpansOf(str).Ok? ==> |SpansOf(str).value| == |Split(str, " ")| / 3
    ensures SpansOf(str).Ok? ==>
              forall i :: 0 <= i < |SpansOf(str).value| ==>
                ParseSpan(Group(Split(str, " "), i)) == Ok(SpansOf(str).value[i])
  {
    var groups := Groups(Split(str, " "));
    CollectMeaning(groups, ParseSpan);
  }

  /** `parseSpans`: the loop that parses the runs of three pieces in order
      and appends each span to the result. */
  method ParseSpans(str: string) returns (r: Result<seq<Span>>)
    ensures r == SpansOf(str)
  {
    if str == "" {
      return Ok([]);
    }
    var s := Split(str, " ");
    if |s| % 3 != 0 {
      return Err(Malformed(str));
    }
    ghost var groups := Groups(s);
    var result: seq<Span> := [];
    var i := 0;
    while i < |s| / 3
      invariant 0 <= i <= |s| / 3
      invariant Collect(groups[..i], ParseSpan) == Ok(result)
    {
      var sp := ParseSpan(Join(s[i * 3..i * 3 + 3], " "));
      assert groups[i] == Group(s, i);
      if sp.Err? {
        CollectFirstError(groups, ParseSpan, i);
        return Err(sp.error);
      }
      CollectExtend(groups, ParseSpan, i, result);
      result := result + [sp.value];
      i := i + 1;
    }
    assert groups[..i] == groups;
    return Ok(result);
  }

  /** What `ParseConstraint` computes: the text is cut at its first `": "`
      (none is an error); the left part is the integer path of column ids and
      the right part the spans. A column error is reported before a span
      error. */
  function ConstraintOf(str: string): (r: Result<Constraint>)
    ensures (forall k :: !OccursAt(str, ": ", k)) ==> r == Err(Malformed(str))
  {
    var s := SplitFirst(str, ": ");
    if |s| != 2 then Err(Malformed(str))
    else
      match IntPath(s[0])
      case Err(e) => Err(e)
      case Ok(cols) =>
        match SpansOf(s[1])
        case Err(e) => Err(e)
        case Ok(spans) => Ok(Constraint(cols, spans))
  }

  /** With a `": "` in the text, `ParseConstraint` succeeds exactly when the
      columns left of the first one and the spans right of it parse; the
      column error comes first, then the span error. */
  lemma ConstraintOfMeaning(str: string)
    requires Index(str, ": ").Some?
    ensures var m := Index(str, ": ").value;
            ConstraintOf(str).Ok? <==> IntPath(str[..m]).Ok? && SpansOf(str[m + 2..]).Ok?
    ensures var m := Index(str, ": ").value;
            ConstraintOf(str).Ok? ==>
              ConstraintOf(str).value == Constraint(IntPath(str[..m]).value, SpansOf(str[m + 2..]).value)
    ensures var m := Index(str, ": ").value;
            IntPath(str[..m]).Err? ==> ConstraintOf(str) == Err(IntPath(str[..m]).error)
    ensures var m := Index(str, ": ").value;
            IntPath(str[..m]).Ok? && SpansOf(str[m + 2..]).Err? ==>
              ConstraintOf(str) == Err(SpansOf(str[m + 2..]).error)
  {
  }

  /** The text is cut at the first `": "` only: with no `:` in the column
      part, everything after the first `": "` is the span list, even if it
      holds another `": "`. */
  lemma ConstraintSplitsAtFirst(cols: string, rest: string)
    requires ':' !in cols
    ensures ConstraintOf(cols + ": " + rest).Ok? <==> IntPath(cols).Ok? && SpansOf(rest).Ok?
    ensures ConstraintOf(cols + ": " + rest).Ok? ==>
              ConstraintOf(cols + ": " + rest).value == Constraint(IntPath(cols).value, SpansOf(rest).value)
  {
    var str := cols + ": " + rest;
    IndexAfter(cols, ": ", rest);
    assert str[..|cols|] == cols && str[|cols| + 2..] == rest;
  }

  /** `ParseConstraint`, with its loop that turns the integers of the column
      path into ordering columns one by one. */
  method ParseConstraint(str: string) returns (r: Result<Constraint>)
    ensures r == ConstraintOf(str)
  {
    var s := SplitFirst(str, ": ");
    if |s| != 2 {
      return Err(Malformed(str));
    }
    var ids := ParseIntPath(s[0]);
    if ids.Err? {
      return Err(ids.error);
    }
    var cols: seq<OrderingColumn> := [];
    var i := 0;
    while i < |ids.value|
      invariant 0 <= i <= |ids.value|
      invariant cols == ids.value[..i]
    {
      cols := cols + [ids.value[i] as OrderingColumn];
      i := i + 1;
    }
    assert cols == ids.value;
    var spans := ParseSpans(s[1]);
    if spans.Err? {
      return Err(spans.error);
    }
    return Ok(Constraint(cols, spans.value));
  }
}
