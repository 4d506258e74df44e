/**
 * `error::response`: renders any error as a plain-text response listing its
 * cause chain, one message per line, outermost first.
 */
module Errors {
  import opened Text
  import opened Headers
  import opened Messages

  /**
   * Starts from an empty response with the given status, inserts the
   * content type, and appends one line per error of the chain.
   */
  method Render(chain: Chain, status: StatusCode) returns (res: Response)
    ensures res.status == status
    ensures res.headers == [Header(ContentTypeName, PlainTextUtf8)]
    ensures res.body == Text(JoinLines(chain))
  {
    var headers: seq<Header> := [];
    headers := Insert(headers, ContentTypeName, PlainTextUtf8);
    assert headers == [Header(ContentTypeName, PlainTextUtf8)];
    var body := "";
    for i := 0 to |chain|
      invariant body == JoinLines(chain[..i])
    {
      JoinLinesAppend(chain[..i], chain[i]);
      assert chain[..i + 1] == chain[..i] + [chain[i]];
      body := body + chain[i] + "\n";
    }
    assert chain[..|chain|] == chain;
    res := Response(status, headers, Text(body));
  }

  /**
   * The body has one line per error: it starts with the outermost message,
   * ends with a newline, and, when no message holds a newline itself, splits
   * back into exactly the chain.
   */
  lemma ChainLines(chain: Chain)
    ensures StartsWith(JoinLines(chain), chain[0] + "\n")
    ensures var t := JoinLines(chain); |t| > 0 && t[|t| - 1] == '\n'
    ensures (forall i :: 0 <= i < |chain| ==> NoNewline(chain[i])) ==>
              SplitLines(JoinLines(chain)) == chain && |SplitLines(JoinLines(chain))| == |chain|
  {
    var n := |chain|;
    assert chain == chain[..n - 1] + [chain[n - 1]];
    JoinLinesAppend(chain[..n - 1], chain[n - 1]);
    if forall i :: 0 <= i < |chain| ==> NoNewline(chain[i]) {
      SplitJoinLines(chain);
    }
  }
}
