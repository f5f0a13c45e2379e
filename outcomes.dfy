/** Success and failure values for the constraint test-format parser.
    The parser signals a malformed input by panicking; here every stage returns
    a `Result` whose error says which text was rejected. */
module Outcomes {

  datatype Option<T> = None | Some(value: T)

  /** Why an input was rejected. */
  datatype Error =
    | Malformed(text: string)      // a stage rejected its whole input text
    | NotAnInteger(token: string)  // strconv.Atoi rejected a path token

  datatype Result<T> = Ok(value: T) | Err(error: Error)

  /** Converts the tokens in order with `f`, stopping at the first token that
      `f` rejects, as the loops of the parser do: all converted values in
      order, or the error of the first rejected token. */
  function Collect<T>(toks: seq<string>, f: string -> Result<T>): (r: Result<seq<T>>)
    ensures r.Ok? ==> |r.value| == |toks|
  {
    if |toks| == 0 then Ok([])
    else
      match Collect(toks[..|toks| - 1], f)
      case Err(e) => Err(e)
      case Ok(vs) =>
        match f(toks[|toks| - 1])
        case Err(e) => Err(e)
        case Ok(v) => Ok(vs + [v])
  }

  /** `Collect` succeeds exactly when every token converts; then it holds
      the converted values in order, and otherwise the error of the first
      token that does not convert. */
  lemma {:induction false} CollectMeaning<T>(toks: seq<string>, f: string -> Result<T>)
    ensures Collect(toks, f).Ok? <==> forall i :: 0 <= i < |toks| ==> f(toks[i]).Ok?
    ensures Collect(toks, f).Ok? ==> |Collect(toks, f).value| == |toks|
    ensures Collect(toks, f).Ok? ==> forall i :: 0 <= i < |toks| ==> f(toks[i]) == Ok(Collect(toks, f).value[i])
    ensures Collect(toks, f).Err? ==>
              exists j :: 0 <= j < |toks| && f(toks[j]) == Err(Collect(toks, f).error)
                          && forall i :: 0 <= i < j ==> f(toks[i]).Ok?
  {
    if |toks| > 0 {
      var init := toks[..|toks| - 1];
      CollectMeaning(init, f);
      assert forall i :: 0 <= i < |init| ==> init[i] == toks[i];
    }
  }

  /** Tokens that each convert to the matching value collect to those values. */
  lemma CollectAll<T>(toks: seq<string>, f: string -> Result<T>, vs: seq<T>)
    requires |vs| == |toks|
    requires forall i :: 0 <= i < |toks| ==> f(toks[i]) == Ok(vs[i])
    ensures Collect(toks, f) == Ok(vs)
  {
    CollectMeaning(toks, f);
    var r := Collect(toks, f);
    assert r.Ok?;
    assert forall i :: 0 <= i < |vs| ==> r.value[i] == vs[i];
    assert r.value == vs;
  }

  /** One more converted token extends the converted prefix by its value. */
  lemma CollectExtend<T>(toks: seq<string>, f: string -> Result<T>, i: nat, vs: seq<T>)
    requires i < |toks| && Collect(toks[..i], f) == Ok(vs) && f(toks[i]).Ok?
    ensures Collect(toks[..i + 1], f) == Ok(vs + [f(toks[i]).value])
  {
    assert toks[..i + 1][..i] == toks[..i];
  }

  /** When a converted prefix is followed by a token that does not convert,
      `Collect` fails with that token's error whatever follows. */
  lemma CollectFirstError<T>(toks: seq<string>, f: string -> Result<T>, j: nat)
    requires j < |toks| && f(toks[j]).Err? && Collect(toks[..j], f).Ok?
    ensures Collect(toks, f) == Err(f(toks[j]).error)
  {
    CollectMeaning(toks[..j], f);
    assert forall i :: 0 <= i < j ==> toks[..j][i] == toks[i];
    CollectMeaning(toks, f);
    var r := Collect(toks, f);
    var k :| 0 <= k < |toks| && f(toks[k]) == Err(r.error)
             && forall i :: 0 <= i < k ==> f(toks[i]).Ok?;
    assert !(k < j) && !(j < k);
  }
}
