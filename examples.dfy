/** Concrete inputs of the constraint test format and what the parser makes of
    them:
    - `"/"` is one empty token;
    - NULL is a key value but not a column id;
    - an empty path token is rejected;
    - the self-overlapping `" - "` cuts as early as possible;
    - the shortest span is `[ - ]`;
    - the two boundaries are read independently;
    - the two constraints from the parser's own comments parse to the
      constraints they describe, with spans in input order;
    - a text without `": "`, or with an incomplete run of span pieces, is
      rejected.
    Each lemma takes its input as a parameter equal to a literal, and proves
    the result through the round-trip lemmas. */
module ParseExamples {
  import opened Outcomes
  import opened Strings
  import opened Atoi
  import opened ConstraintModel
  import opened TestUtils
  import opened TextFormat

  /** `"/"` is the path of one empty token. */
  lemma SlashIsOneEmptyToken(str: string)
    requires str == "/"
    ensures ParsePath(str) == Ok([""])
  {
    assert PathText([""]) == str;
    PathRoundTrip([""]);
  }

  lemma KeyWithNull(str: string)
    requires str == "/1/NULL"
    ensures DatumPath(str) == Ok([DInt(1), DNull])
  {
    assert FormatInt(1) == "1";
    assert KeyText(Key([DInt(1), DNull])) == str;
    KeyRoundTrip(Key([DInt(1), DNull]));
  }

  /** NULL is a key value but not a column id. */
  lemma NullIsNoColumn(str: string)
    requires str == "/NULL"
    ensures IntPath(str) == Err(NotAnInteger("NULL"))
  {
    assert PathText(["NULL"]) == str;
    PathRoundTrip(["NULL"]);
    assert !IsDigit('N');
    assert Collect(["NULL"][..0], IntToken) == Ok([]);
    CollectFirstError(["NULL"], IntToken, 0);
  }

  /** An empty token between two slashes is rejected. */
  lemma EmptyTokenRejected(str: string)
    requires str == "/1//2"
    ensures DatumPath(str) == Err(NotAnInteger(""))
  {
    var toks := ["1", "", "2"];
    assert PathText(toks) == str;
    PathRoundTrip(toks);
    assert toks[..1] == IntTokens([1]) by {
      assert FormatInt(1) == "1";
    }
    IntTokenRoundTrip(1);
    CollectAll(toks[..1], DatumToken, [DInt(1)]);
    CollectFirstError(toks, DatumToken, 1);
  }

  /** `" - "` overlaps itself in `" - - "`; the cut is at the first one. */
  lemma OverlappingSeparator(str: string)
    requires str == " - - "
    ensures Split(str, " - ") == ["", "- "]
  {
    assert OccursAt(str, " - ", 0);
    assert Index(str, " - ") == Some(0);
    assert str[3..] == "- ";
    SplitShort("- ", " - ");
  }

  /** The shortest span: two empty keys, both ends included. */
  lemma ShortestSpan(str: string)
    requires str == "[ - ]"
    ensures ParseSpan(str) == Ok(Span(Key([]), IncludeBoundary, Key([]), IncludeBoundary))
  {
    var sp := Span(Key([]), IncludeBoundary, Key([]), IncludeBoundary);
    assert SpanText(sp) == str;
    SpanRoundTrip(sp);
  }

  /** The two boundaries of a span are read independently. */
  lemma MixedBoundaries(str: string)
    requires str == "[/1 - /2)"
    ensures ParseSpan(str) == Ok(Span(Key([DInt(1)]), IncludeBoundary, Key([DInt(2)]), ExcludeBoundary))
  {
    var sp := Span(Key([DInt(1)]), IncludeBoundary, Key([DInt(2)]), ExcludeBoundary);
    assert FormatInt(1) == "1" && FormatInt(2) == "2";
    assert SpanText(sp) == str;
    SpanRoundTrip(sp);
  }

  lemma OneSpanConstraintText(c: Constraint)
    requires c == Constraint([1, 2, 3], [Span(Key([DInt(1)]), IncludeBoundary, Key([DInt(2)]), IncludeBoundary)])
    ensures ConstraintText(c) == "/1/2/3: [/1 - /2]"
  {
    assert FormatInt(1) == "1" && FormatInt(2) == "2" && FormatInt(3) == "3";
    assert IntsText([1, 2, 3]) == "/1/2/3";
    assert SpanText(c.spans[0]) == "[/1 - /2]";
  }

  /** One span over three columns. */
  lemma ThreeColumnsOneSpan(str: string)
    requires str == "/1/2/3: [/1 - /2]"
    ensures ConstraintOf(str)
            == Ok(Constraint([1, 2, 3], [Span(Key([DInt(1)]), IncludeBoundary, Key([DInt(2)]), IncludeBoundary)]))
  {
    var c := Constraint([1, 2, 3], [Span(Key([DInt(1)]), IncludeBoundary, Key([DInt(2)]), IncludeBoundary)]);
    OneSpanConstraintText(c);
    ConstraintRoundTrip(c);
  }

  lemma TwoSpansText(one: Span, two: Span)
    requires one == Span(Key([DInt(1)]), IncludeBoundary, Key([DInt(2)]), IncludeBoundary)
    requires two == Span(Key([DInt(5)]), IncludeBoundary, Key([DInt(6)]), IncludeBoundary)
    ensures SpansText([one, two]) == "[/1 - /2] [/5 - /6]"
  {
    assert FormatInt(1) == "1" && FormatInt(2) == "2" && FormatInt(5) == "5" && FormatInt(6) == "6";
    assert SpanText(one) == "[/1 - /2]" && SpanText(two) == "[/5 - /6]";
    assert [one, two][1..] == [two];
  }

  lemma TwoSpansConstraintText(c: Constraint)
    requires c == Constraint([1], [Span(Key([DInt(1)]), IncludeBoundary, Key([DInt(2)]), IncludeBoundary),
                                   Span(Key([DInt(5)]), IncludeBoundary, Key([DInt(6)]), IncludeBoundary)])
    ensures ConstraintText(c) == "/1: [/1 - /2] [/5 - /6]"
  {
    TwoSpansText(c.spans[0], c.spans[1]);
    assert c.spans == [c.spans[0], c.spans[1]];
    assert IntsText([1]) == "/1" by {
      assert FormatInt(1) == "1";
    }
  }

  /** Two spans, kept in input order. */
  lemma TwoSpansInOrder(str: string)
    requires str == "/1: [/1 - /2] [/5 - /6]"
    ensures ConstraintOf(str)
            == Ok(Constraint([1], [Span(Key([DInt(1)]), IncludeBoundary, Key([DInt(2)]), IncludeBoundary),
                                   Span(Key([DInt(5)]), IncludeBoundary, Key([DInt(6)]), IncludeBoundary)]))
  {
    var c := Constraint([1], [Span(Key([DInt(1)]), IncludeBoundary, Key([DInt(2)]), IncludeBoundary),
                              Span(Key([DInt(5)]), IncludeBoundary, Key([DInt(6)]), IncludeBoundary)]);
    TwoSpansConstraintText(c);
    ConstraintRoundTrip(c);
  }

  /** Without `": "` there is no constraint. */
  lemma NoSeparator(str: string)
    requires str == "/1 [/1 - /2]"
    ensures ConstraintOf(str) == Err(Malformed(str))
  {
    IndexAbsent(str, ": ");
  }

  lemma IncompletePieces(str: string)
    requires str == "[/1 - /2] [/5"
    ensures Split(str, " ") == ["[/1", "-", "/2]", "[/5"]
  {
    var pieces := ["[/1", "-", "/2]", "[/5"];
    assert Join(pieces[3..], " ") == "[/5";
    assert Join(pieces[2..], " ") == "/2] [/5";
    assert Join(pieces[1..], " ") == "- /2] [/5";
    assert Join(pieces, " ") == str;
    SplitJoin(pieces, " ");
  }

  /** Four pieces cannot be runs of three. */
  lemma IncompleteSpan(str: string)
    requires str == "[/1 - /2] [/5"
    ensures SpansOf(str) == Err(Malformed(str))
  {
    IncompletePieces(str);
    assert |Split(str, " ")| % 3 == 1;
    assert str != "";
  }
}
