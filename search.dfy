/** The two query operations: a single-shot call that returns one (text, search results)
    pair, and a streaming call that yields the text accumulated so far after every
    non-empty chunk and then one final pair. The generative-model service is an
    oracle: its answers are parameters. */
module Search {
  import opened Wrappers
  import opened Text

  /** A (response text, search results) pair. */
  datatype Pair = Pair(text: string, search: string)

  /** The search part reported when web search is off. */
  const NotUsed := "Web search not used."

  /** Every failure is reported as its message behind `Error: `, with no search results. */
  function ErrorPair(message: string): Pair {
    Pair("Error: " + message, "")
  }

  /** What one complete `generate_content` call gives: a response whose text may be
      missing, with the rendered search entry point of its grounding metadata; or an
      exception raised anywhere on the way (client, call, metadata). */
  datatype Reply =
    | Answered(text: Option<string>, rendered: string)
    | Raised(message: string)

  /** How the chunk stream ends: it runs out, or an exception breaks it off
      (one raised before the first chunk stands for a failed set-up). */
  datatype Ending = Completed | Broken(message: string)

  /** `google_search_query`: the reply's text (empty when missing) and, with web search
      on, its search results; otherwise the not-used note. */
  function Query(webSearch: bool, reply: Reply): Pair {
    match reply
    case Raised(m) => ErrorPair(m)
    case Answered(text, rendered) => Pair(text.GetOr(""), if webSearch then rendered else NotUsed)
  }

  /** The non-empty chunks, in order: what the streaming loop collects. */
  function Collected(chunks: seq<string>): (c: seq<string>)
    ensures |c| <= |chunks|
    ensures forall i :: 0 <= i < |c| ==> c[i] != ""
  {
    if chunks == [] then []
    else
      var init := Collected(chunks[..|chunks| - 1]);
      if chunks[|chunks| - 1] != "" then init + [chunks[|chunks| - 1]] else init
  }

  /** The pair that closes the stream, given the concatenated text. */
  function FinalPair(webSearch: bool, text: string, ending: Ending, followUp: Reply): Pair {
    match ending
    case Broken(m) => ErrorPair(m)
    case Completed =>
      if !webSearch then Pair(text, NotUsed)
      else
        match followUp
        case Raised(m) => ErrorPair(m)
        case Answered(_, rendered) => Pair(text, rendered)
  }

  /** The intermediate pairs for the collected chunks: after the i-th one, the first
      i + 1 of them joined, with no search part. */
  function Partials(c: seq<string>): seq<Pair> {
    seq(|c|, i requires 0 <= i < |c| => Pair(Join(c[..i + 1], ""), ""))
  }

  /** Everything `google_search_query_stream` yields: the intermediate pairs of the
      non-empty chunks, then the final pair. */
  function StreamYields(webSearch: bool, chunks: seq<string>, ending: Ending, followUp: Reply): seq<Pair> {
    var c := Collected(chunks);
    Partials(c) + [FinalPair(webSearch, Join(c, ""), ending, followUp)]
  }

  /** Collecting one more chunk adds one intermediate pair. */
  lemma PartialsSnoc(c: seq<string>, x: string)
    ensures Partials(c + [x]) == Partials(c) + [Pair(Join(c + [x], ""), "")]
  {
    var d := c + [x];
    assert d[..|d|] == d;
    forall i | 0 <= i < |c| ensures Partials(d)[i] == Partials(c)[i] {
      assert d[..i + 1] == c[..i + 1];
    }
  }

  /** The accumulate-and-yield loop of `google_search_query_stream`. */
  method QueryStream(webSearch: bool, chunks: seq<string>, ending: Ending, followUp: Reply)
    returns (emitted: seq<Pair>)
    ensures emitted == StreamYields(webSearch, chunks, ending, followUp)
  {
    var collected: seq<string> := [];
    emitted := [];
    for i := 0 to |chunks|
      invariant collected == Collected(chunks[..i])
      invariant emitted == Partials(collected)
    {
      assert chunks[..i + 1][..i] == chunks[..i];
      if chunks[i] != "" {
        PartialsSnoc(collected, chunks[i]);
        collected := collected + [chunks[i]];
        emitted := emitted + [Pair(Join(collected, ""), "")];
      }
    }
    assert chunks[..|chunks|] == chunks;
    var finalText := Join(collected, "");
    match ending {
      case Broken(m) =>
        emitted := emitted + [ErrorPair(m)];
      case Completed =>
        var searchResults := NotUsed;
        if webSearch {
          match followUp {
            case Raised(m) =>
              emitted := emitted + [ErrorPair(m)];
              return;
            case Answered(_, rendered) =>
              searchResults := rendered;
          }
        }
        emitted := emitted + [Pair(finalText, searchResults)];
    }
  }

  /** Empty chunks add nothing to the joined text. */
  lemma {:induction false} CollectedJoin(chunks: seq<string>)
    ensures Join(Collected(chunks), "") == Join(chunks, "")
    decreases |chunks|
  {
    if chunks != [] {
      var init := chunks[..|chunks| - 1];
      var last := chunks[|chunks| - 1];
      CollectedJoin(init);
      assert init + [last] == chunks;
      JoinEmptyAppend(init, [last]);
      JoinEmptyAppend(Collected(init), [last]);
      assert Join(Collected(init) + [], "") == Join(Collected(init), "") by {
        assert Collected(init) + [] == Collected(init);
      }
    }
  }

  /** What is collected from a prefix of the chunks is a prefix of what is collected
      from all of them. */
  lemma {:induction false} CollectedPrefix(chunks: seq<string>, k: nat)
    requires k <= |chunks|
    ensures |Collected(chunks[..k])| <= |Collected(chunks)|
    ensures Collected(chunks)[..|Collected(chunks[..k])|] == Collected(chunks[..k])
    decreases |chunks|
  {
    if k < |chunks| {
      var init := chunks[..|chunks| - 1];
      assert init[..k] == chunks[..k];
      CollectedPrefix(init, k);
    } else {
      assert chunks[..k] == chunks;
    }
  }

  /** The shape of a stream: one intermediate pair per non-empty chunk and one final pair;
      every intermediate pair has no search part, its text is a prefix of the stream's
      whole text and strictly extends the one before; the final pair carries the whole
      text with the search results, or the error that ended the stream. */
  lemma StreamShape(webSearch: bool, chunks: seq<string>, ending: Ending, followUp: Reply)
    ensures var ys := StreamYields(webSearch, chunks, ending, followUp);
      && |ys| == |Collected(chunks)| + 1
      && (forall i :: 0 <= i < |ys| - 1 ==>
            ys[i].search == "" && StartsWith(Join(chunks, ""), ys[i].text))
      && (forall i :: 0 <= i < |ys| - 2 ==>
            StartsWith(ys[i + 1].text, ys[i].text) && |ys[i].text| < |ys[i + 1].text|)
      && (ending.Completed? && !webSearch ==> ys[|ys| - 1] == Pair(Join(chunks, ""), NotUsed))
      && (ending.Completed? && webSearch && followUp.Answered? ==>
            ys[|ys| - 1] == Pair(Join(chunks, ""), followUp.rendered))
      && (ending.Completed? && webSearch && followUp.Raised? ==> ys[|ys| - 1] == ErrorPair(followUp.message))
      && (ending.Broken? ==> ys[|ys| - 1] == ErrorPair(ending.message))
  {
    var ys := StreamYields(webSearch, chunks, ending, followUp);
    var c := Collected(chunks);
    CollectedJoin(chunks);
    forall i | 0 <= i < |ys| - 1
      ensures StartsWith(Join(chunks, ""), ys[i].text)
    {
      JoinEmptyPrefix(c, i + 1);
    }
    forall i | 0 <= i < |ys| - 2
      ensures StartsWith(ys[i + 1].text, ys[i].text) && |ys[i].text| < |ys[i + 1].text|
    {
      assert c[..i + 2] == c[..i + 1] + [c[i + 1]];
      JoinEmptyAppend(c[..i + 1], [c[i + 1]]);
      assert Join([c[i + 1]], "") == c[i + 1];
    }
  }

  /** The pair yielded right after a non-empty chunk carries the text of every chunk
      up to and including it. */
  lemma PartialAfterChunk(webSearch: bool, chunks: seq<string>, ending: Ending, followUp: Reply, k: nat)
    requires k < |chunks| && chunks[k] != ""
    ensures var ys := StreamYields(webSearch, chunks, ending, followUp);
      var n := |Collected(chunks[..k + 1])|;
      1 <= n < |ys| && ys[n - 1] == Pair(Join(chunks[..k + 1], ""), "")
  {
    var c := Collected(chunks);
    var front := chunks[..k + 1];
    assert front[..|front| - 1] == chunks[..k];
    CollectedPrefix(chunks, k + 1);
    CollectedJoin(front);
  }

  /** When the stream completes, its final pair is what the single-shot query returns
      for a reply with the same text, search results and failure. */
  lemma StreamAgreesWithQuery(webSearch: bool, chunks: seq<string>, followUp: Reply)
    requires webSearch || followUp.Answered?
    requires followUp.Answered? ==> followUp.text.GetOr("") == Join(chunks, "")
    ensures var ys := StreamYields(webSearch, chunks, Completed, followUp);
      ys[|ys| - 1] == Query(webSearch, followUp)
  {
    CollectedJoin(chunks);
  }

  /** Both queries report a failure as `Error: <message>` with no search results, and
      the stream stops with it. */
  lemma FailuresBecomeErrorPairs(webSearch: bool, chunks: seq<string>, message: string, followUp: Reply)
    ensures Query(webSearch, Raised(message)) == ErrorPair(message)
    ensures var ys := StreamYields(webSearch, chunks, Broken(message), followUp);
      ys[|ys| - 1] == ErrorPair(message) && forall i :: 0 <= i < |ys| - 1 ==> ys[i].search == ""
    ensures StartsWith(ErrorPair(message).text, "Error: ") && ErrorPair(message).search == ""
  {
    var p := ErrorPair(message);
    assert p.text[..7] == "Error: ";
  }
}
