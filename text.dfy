/** A writer for the constraint test format, following its grammar:

      constraint := path ": " spans
      path       := ("/" token)*
      spans      := "" | span (" " span)*
      span       := ("[" | "(") path " - " path ("]" | ")")

    with integers in shortest decimal form and `NULL` for the NULL datum. It
    is the partner of the parser: every stage reads back exactly what this
    writer produces, up to a whole constraint. */
module TextFormat {
  import opened Outcomes
  import opened Strings
  import opened Atoi
  import opened ConstraintModel
  import opened TestUtils

  /** The path `/t1/t2/...` of some tokens; `""` for none. */
  function PathText(toks: seq<string>): string
  {
    if |toks| == 0 then "" else "/" + toks[0] + PathText(toks[1..])
  }

  function DatumText(d: Datum): string
  {
    match d
    case DNull => "NULL"
    case DInt(v) => FormatInt(v)
  }

  function IntTokens(ns: seq<int>): (toks: seq<string>)
    ensures |toks| == |ns|
  {
    seq(|ns|, i requires 0 <= i < |ns| => FormatInt(ns[i]))
  }

  function DatumTokens(vals: seq<Datum>): (toks: seq<string>)
    ensures |toks| == |vals|
  {
    seq(|vals|, i requires 0 <= i < |vals| => DatumText(vals[i]))
  }

  /** The path of a list of integers, such as the ordering columns. */
  function IntsText(ns: seq<int>): string
  {
    PathText(IntTokens(ns))
  }

  function KeyText(k: Key): string
  {
    PathText(DatumTokens(k.vals))
  }

  function OpenBracket(b: SpanBoundary): char
  {
    if b == IncludeBoundary then '[' else '('
  }

  function CloseBracket(b: SpanBoundary): char
  {
    if b == IncludeBoundary then ']' else ')'
  }

  function SpanText(sp: Span): string
  {
    [OpenBracket(sp.startBoundary)] + KeyText(sp.start) + " - " + KeyText(sp.end) + [CloseBracket(sp.endBoundary)]
  }

  /** The spans, separated by single spaces. */
  function SpansText(sps: seq<Span>): string
  {
    if |sps| == 0 then ""
    else if |sps| == 1 then SpanText(sps[0])
    else SpanText(sps[0]) + " " + SpansText(sps[1..])
  }

  function ConstraintText(c: Constraint): string
  {
    IntsText(c.columns) + ": " + SpansText(c.spans)
  }

  // ---------------------------------------------------------------------
  // Paths

  /** A non-empty path is a `/` followed by its tokens joined with `/`. */
  lemma {:induction false} PathTextJoin(toks: seq<string>)
    requires 0 < |toks|
    ensures PathText(toks) == "/" + Join(toks, "/")
    decreases |toks|
  {
    if |toks| > 1 {
      PathTextJoin(toks[1..]);
    }
  }

  /** A character other than `/` that no token holds is absent from the path. */
  lemma {:induction false} PathTextAvoids(toks: seq<string>, c: char)
    requires c != '/'
    requires forall i :: 0 <= i < |toks| ==> c !in toks[i]
    ensures c !in PathText(toks)
    decreases |toks|
  {
    if |toks| > 0 {
      PathTextAvoids(toks[1..], c);
    }
  }

  /** `parsePath` reads back the tokens of any path whose tokens hold no `/`,
      the empty path and empty tokens included. */
  lemma PathRoundTrip(toks: seq<string>)
    requires forall i :: 0 <= i < |toks| ==> '/' !in toks[i]
    ensures ParsePath(PathText(toks)) == Ok(toks)
  {
    if |toks| > 0 {
      var joined := Join(toks, "/");
      PathTextJoin(toks);
      IndexAfter("", "/", joined);
      assert "" + "/" + joined == "/" + joined;
      assert ("/" + joined)[1..] == joined;
      assert Split("/" + joined, "/") == [""] + Split(joined, "/");
      SplitJoin(toks, "/");
    }
  }

  /** The form of the round trip on `/` followed by joined tokens. The empty
      token list is not such a case: `"/"` is the path of one empty token. */
  lemma ParsePathJoin(toks: seq<string>)
    requires 0 < |toks|
    requires forall i :: 0 <= i < |toks| ==> '/' !in toks[i]
    ensures ParsePath("/" + Join(toks, "/")) == Ok(toks)
  {
    PathTextJoin(toks);
    PathRoundTrip(toks);
  }

  /** Conversely, the tokens `parsePath` returns write back to its input. */
  lemma ParsePathInverse(str: string)
    requires ParsePath(str).Ok?
    ensures PathText(ParsePath(str).value) == str
  {
    if str != "" {
      var rest := str[1..];
      IndexAfter("", "/", rest);
      assert "" + "/" + rest == str;
      assert Split(str, "/") == [""] + Split(rest, "/");
      SplitMeaning(rest, "/");
      PathTextJoin(Split(rest, "/"));
    }
  }

  // ---------------------------------------------------------------------
  // Integer and key paths

  lemma FormatIntAvoids(n: int, c: char)
    requires c != '-' && !IsDigit(c)
    ensures c !in FormatInt(n)
  {
  }

  /** An integer token reads back as its integer and holds no `/`. */
  lemma IntTokenRoundTrip(n: int)
    ensures '/' !in FormatInt(n)
    ensures IntToken(FormatInt(n)) == Ok(n)
  {
    FormatIntAvoids(n, '/');
    ParseFormatInt(n);
  }

  /** `parseIntPath` reads back every list of integers. */
  lemma IntsRoundTrip(ns: seq<int>)
    ensures IntPath(IntsText(ns)) == Ok(ns)
  {
    var toks := IntTokens(ns);
    forall i | 0 <= i < |toks| ensures '/' !in toks[i] && IntToken(toks[i]) == Ok(ns[i]) {
      IntTokenRoundTrip(ns[i]);
    }
    PathRoundTrip(toks);
    CollectAll(toks, IntToken, ns);
  }

  /** `NULL` and integers read back as themselves. */
  lemma DatumRoundTrip(d: Datum)
    ensures '/' !in DatumText(d) && ' ' !in DatumText(d)
    ensures DatumToken(DatumText(d)) == Ok(d)
  {
    if d.DInt? {
      FormatIntAvoids(d.value, '/');
      FormatIntAvoids(d.value, ' ');
      ParseFormatInt(d.value);
      assert DatumText(d)[0] != 'N';
    }
  }

  /** `parseDatumPath` reads back every key; no key text holds a space. */
  lemma KeyRoundTrip(k: Key)
    ensures DatumPath(KeyText(k)) == Ok(k.vals)
    ensures ' ' !in KeyText(k)
  {
    var toks := DatumTokens(k.vals);
    forall i | 0 <= i < |toks|
      ensures '/' !in toks[i] && ' ' !in toks[i] && DatumToken(toks[i]) == Ok(k.vals[i])
    {
      DatumRoundTrip(k.vals[i]);
    }
    PathRoundTrip(toks);
    PathTextAvoids(toks, ' ');
    CollectAll(toks, DatumToken, k.vals);
  }

  // ---------------------------------------------------------------------
  // Spans

  /** Between its brackets, a span's text cuts at `" - "` into its two keys. */
  lemma SpanTextKeys(sp: Span)
    ensures var str := SpanText(sp);
            5 <= |str| && str[0] == OpenBracket(sp.startBoundary) && str[|str| - 1] == CloseBracket(sp.endBoundary)
            && Split(str[1..|str| - 1], " - ") == [KeyText(sp.start), KeyText(sp.end)]
  {
    var k1, k2 := KeyText(sp.start), KeyText(sp.end);
    KeyRoundTrip(sp.start);
    KeyRoundTrip(sp.end);
    var str := SpanText(sp);
    assert str[1..|str| - 1] == k1 + " - " + k2;
    assert Join([k1, k2], " - ") == k1 + " - " + k2 by {
      assert [k1, k2][1..] == [k2];
    }
    SplitJoin([k1, k2], " - ");
  }

  /** `parseSpan` reads back every span, both boundaries included. */
  lemma SpanRoundTrip(sp: Span)
    ensures ParseSpan(SpanText(sp)) == Ok(sp)
  {
    SpanTextKeys(sp);
    KeyRoundTrip(sp.start);
    KeyRoundTrip(sp.end);
  }

  /** The three space-free pieces a span's text is cut into at its spaces. */
  function SpanTokens(sp: Span): seq<string>
  {
    [[OpenBracket(sp.startBoundary)] + KeyText(sp.start), "-", KeyText(sp.end) + [CloseBracket(sp.endBoundary)]]
  }

  function AllTokens(sps: seq<Span>): seq<string>
  {
    if |sps| == 0 then [] else SpanTokens(sps[0]) + AllTokens(sps[1..])
  }

  lemma SpanTokensJoin(sp: Span)
    ensures Join(SpanTokens(sp), " ") == SpanText(sp)
    ensures forall i :: 0 <= i < 3 ==> ' ' !in SpanTokens(sp)[i]
  {
    var t := SpanTokens(sp);
    KeyRoundTrip(sp.start);
    KeyRoundTrip(sp.end);
    assert t[1..][1..] == [t[2]];
    assert Join(t[1..], " ") == t[1] + " " + t[2];
    assert Join(t, " ") == t[0] + " " + (t[1] + " " + t[2]);
    assert t[0] + " " + (t[1] + " " + t[2]) == t[0] + " - " + t[2];
  }

  /** The pieces of all spans: three per span, in order, none with a space. */
  lemma {:induction false} AllTokensShape(sps: seq<Span>)
    ensures |AllTokens(sps)| == 3 * |sps|
    ensures forall i :: 0 <= i < |sps| ==> AllTokens(sps)[3 * i..3 * i + 3] == SpanTokens(sps[i])
    ensures forall j :: 0 <= j < |AllTokens(sps)| ==> ' ' !in AllTokens(sps)[j]
    decreases |sps|
  {
    if |sps| > 0 {
      var head, tail := SpanTokens(sps[0]), AllTokens(sps[1..]);
      AllTokensShape(sps[1..]);
      SpanTokensJoin(sps[0]);
      forall i | 0 <= i < |sps| ensures AllTokens(sps)[3 * i..3 * i + 3] == SpanTokens(sps[i]) {
        if i > 0 {
          assert AllTokens(sps)[3 * i..3 * i + 3] == tail[3 * (i - 1)..3 * (i - 1) + 3];
        }
      }
    }
  }

  /** The text of the spans is their pieces joined with single spaces. */
  lemma {:induction false} SpansTextTokens(sps: seq<Span>)
    requires 0 < |sps|
    ensures SpansText(sps) == Join(AllTokens(sps), " ")
    decreases |sps|
  {
    SpanTokensJoin(sps[0]);
    if |sps| == 1 {
      assert AllTokens(sps) == SpanTokens(sps[0]);
    } else {
      SpansTextTokens(sps[1..]);
      AllTokensShape(sps[1..]);
      JoinAppend(SpanTokens(sps[0]), AllTokens(sps[1..]), " ");
    }
  }

  /** The runs of three pieces of all spans are the spans' texts. */
  lemma GroupsOfTokens(sps: seq<Span>)
    ensures |Groups(AllTokens(sps))| == |sps|
    ensures forall i :: 0 <= i < |sps| ==> Groups(AllTokens(sps))[i] == SpanText(sps[i])
  {
    var toks := AllTokens(sps);
    AllTokensShape(sps);
    assert |toks| / 3 == |sps|;
    forall i | 0 <= i < |sps| ensures Groups(toks)[i] == SpanText(sps[i]) {
      assert Groups(toks)[i] == Join(toks[3 * i..3 * i + 3], " ");
      SpanTokensJoin(sps[i]);
    }
  }

  /** Cutting the text of some spans at its spaces gives their pieces. */
  lemma SpansTextSplit(sps: seq<Span>)
    requires 0 < |sps|
    ensures SpansText(sps) != ""
    ensures Split(SpansText(sps), " ") == AllTokens(sps)
  {
    var toks := AllTokens(sps);
    AllTokensShape(sps);
    SpansTextTokens(sps);
    SplitJoin(toks, " ");
    assert |toks[0]| > 0;
  }

  /** Each run of three pieces parses to its span. */
  lemma GroupsParse(sps: seq<Span>)
    ensures |Groups(AllTokens(sps))| == |sps|
    ensures forall i :: 0 <= i < |sps| ==> ParseSpan(Groups(AllTokens(sps))[i]) == Ok(sps[i])
  {
    GroupsOfTokens(sps);
    forall i | 0 <= i < |sps| ensures ParseSpan(Groups(AllTokens(sps))[i]) == Ok(sps[i]) {
      SpanRoundTrip(sps[i]);
    }
  }

  /** `parseSpans` reads back every list of spans, in order. */
  lemma SpansRoundTrip(sps: seq<Span>)
    ensures SpansOf(SpansText(sps)) == Ok(sps)
  {
    if |sps| > 0 {
      SpansTextSplit(sps);
      AllTokensShape(sps);
      GroupsParse(sps);
      CollectAll(Groups(AllTokens(sps)), ParseSpan, sps);
    }
  }

  // ---------------------------------------------------------------------
  // Constraints

  /** `ParseConstraint` reads back every constraint: its columns and its
      spans in order. */
  lemma ConstraintRoundTrip(c: Constraint)
    ensures ConstraintOf(ConstraintText(c)) == Ok(c)
  {
    var cols := IntsText(c.columns);
    var toks := IntTokens(c.columns);
    forall i | 0 <= i < |toks| ensures ':' !in toks[i] {
      FormatIntAvoids(c.columns[i], ':');
    }
    PathTextAvoids(toks, ':');
    IndexAfter(cols, ": ", SpansText(c.spans));
    var str := ConstraintText(c);
    assert str[..|cols|] == cols && str[|cols| + 2..] == SpansText(c.spans);
    IntsRoundTrip(c.columns);
    SpansRoundTrip(c.spans);
  }
}
